# Verified model of the Go back end's usage billing and session code

The Go back end counts API usage, bills it in batches, and issues rotating refresh
tokens. This project models the parts of it that have to be right under every
interleaving, every failure and every clock reading, and proves what they keep.
`dafny verify dfyconfig.toml` checks the whole project (Dafny 4.11).

## How it is built

A protocol with several actors is a *step system*: a `State`, an `Event` for each
critical section, each answer of the outside world and each timer that may fire, and
`Enabled` / `Apply` / `Legal` / `Exec` over lists of events. The list carries every
choice of the scheduler and of the outside world, so a lemma about all legal lists is a
lemma about all runs. Fields described as history exist only so that theorems can speak
about the past; no step's behaviour depends on them.

Code that updates an object in place is also given as a class. Each method states its
effect outright and is proved to be a legal run of the step system (`View() ==
Exec(old(View()), events)`), so what holds of all runs holds of the object.

| file | what it models |
|---|---|
| `Gathering.dfy` | joining and summing contributions over a sequence; how often a value occurs |
| `BatchProtocol.dfy` | the batch manager: `Add`, size and timer flushes, retries, shutdown |
| `BatchConservation.dfy` | nothing lost or duplicated; order |
| `BatchDrain.dfy` | batch sizes, the bound on attempts, the end of every shutdown |
| `BatchStop.dfy` | what is settled and what is left behind when `Stop` returns |
| `BatchAttempts.dfy` | how often a single metric can be part of a call |
| `BatchManager.dfy` | the manager as an object |
| `UsageLedger.dfy` | one item's running total: read, add, write under an idempotency key |
| `MeteredBilling.dfy` | one batch execution with its summing loop and retry loop |
| `BilledTotal.dfy` | manager and ledger together: what a customer is billed |
| `BilledTwice.dfy` | a run that bills one metric twice |
| `LostUpdate.dfy` | a run in which overlapping batches lose an update |
| `CircuitBreaker.dfy` | the breaker under concurrent callers; load on a dead downstream |
| `Retry.dfy` | `retry.Do` and its backoff schedule |
| `WorkerPool.dfy` | the bounded queue, its workers, the drain |
| `Pipeline.dfy` | handler, pool, manager and main's shutdown order |
| `ShutdownProgress.dfy` | the shutdown can always be completed |
| `EndToEnd.dfy` | from accepted events to the billed total |
| `TokenStore.dfy` | the refresh token store |
| `RefreshTokens.dfy` | login, rotation, reuse detection, logout and sweep over whole runs |
| `SpentTokens.dfy` | logout, refresh and replay on the store's maps; spent for good |
| `AuthHandlers.dfy` | the handlers as store calls |
| `UsageIndex.dfy` | the hourly usage index against the event log |
| `ClientAddress.dfy` | X-Forwarded-For resolution |

## What the proofs found

- Two things can keep `Stop` from settling what was accepted. It waits on a wait group
  that `Add` increments after releasing the lock (`manager.go:120-124`), so a full batch
  taken out in between is in nobody's hands that it waits for (`StopCanMissAHandoff`). And
  `Add` still succeeds after the final snapshot (`manager.go:97-134`), so a metric can be
  left in a buffer that nothing will flush (`LateAddIsStranded`).
  `StopSettlesEverything` shows that these are the only two. A late Add is sure to be
  settled exactly if it does not fill its buffer and a retry of its ID is due
  (`LateAddIsSafeExactly`). In the usage service the pool is stopped first, which closes
  both gaps (`ShutdownSettlesEverything`).
- `main` cancels the worker pool before it shuts the HTTP server down (`main.go:134-140`).
  An event accepted after the last worker has exited stays in the queue for ever. What is
  lost is exactly what came that late (`StopLosesExactlyTheLate`).
- A failed batch goes back to the buffer and gets a new idempotency key when it is flushed
  again. If its update had landed and only the answer was lost for good, it is billed twice
  (`BillsTwice`). Something is billed beyond what was delivered, updates not being
  overtaken, exactly if an execution gives up after its update has landed
  (`NoOverbilling`); within one key the quantity is added at most once
  (`AtMostOncePerKey`).
- Two batches of one item may be in flight at once. Then the total can lose an update
  (`LosesAnUpdate`); it is exact precisely if no accepted update was overtaken
  (`TotalIsBounded`, `TotalAtRest`). Metrics can also settle out of order
  (`OverlapCanReorder`).
- The comment at `metered_billing.go:24` says that HalfOpen lets a single operation
  through; the code checks only for Open (`HalfOpenAdmitsSeveral`). The comment holds in
  exactly those runs in which nobody is admitted to a breaker that is not closed while a
  call is still out (`SingleProbeExactly`).
- The bound of five attempts holds per fresh flush, not per metric. Data that went back to
  the buffer may be picked up by a timer flush, which starts at attempt one again, so a
  metric can be tried any number of times without being dead-lettered
  (`NoBoundPerMetric`). `FiveCallsExactly` gives the condition under which five is a bound,
  `FiveCallsWhenKeptApart` one that speaks of flushes only.
- A backoff can exceed its cap: after an overflow the code falls back to the base, which
  is above the cap if it was configured so (`CapHoldsIfBaseIsWithin`).
- `consumedRetention` has to be at least the refresh lifetime, as its comment says;
  reuse detection works in all runs exactly then (`ReuseDetectionNeedsRetention`).
- The fields of the usage hash keep the event's zone offset, so an hour reported from two
  zones counts twice in the denominator (`DenominatorIsHours`, `ZonesSplitAnHour`).
- An event dated more than a day ahead can have expired before its hour leaves the rolling
  window (`VisibleIffTimely`).
- Behind a trusted peer, a forwarded header is proof against a forged prefix exactly if it
  names an untrusted hop (`ForgeryProof`).

## Assumptions

- Idempotency keys are distinct. The code builds them from the batch's ID and the clock in
  nanoseconds (`manager.go:167`).
- The billing API performs the first accepted update of a key and replays its outcome to
  later ones. A refusal may or may not be recorded under the key; both are covered.
- An update takes effect before its client sees an answer or gives up on one, or not at
  all: no request lands after its attempt has ended.
- Quantities are positive, as `TrackUsage` demands.
- One request to the gateway's auth handlers is one step; token IDs and hashes are fresh.
- Clocks do not run backwards.

## Model

| member | source | states |
|---|---|---|
| BatchConservation.NothingLost | go-backend/shared/stripe-client/internal/batch/manager.go:95-270 | in every reachable state and for every ID, the accepted metrics are, as a multiset, the settled, carried, snapshotted and buffered ones: nothing is lost and nothing is in two places |
| BatchConservation.StepBalances | go-backend/shared/stripe-client/internal/batch/manager.go:95-220 | every critical section, answer and goroutine start keeps the count of every single metric |
| BatchConservation.OrderPreserved | go-backend/shared/stripe-client/internal/batch/manager.go:113-192 | while no two batches of an ID are in flight, settled batches, batch in flight and buffer spell out the Adds in order |
| BatchConservation.OverlapCanReorder | go-backend/shared/stripe-client/internal/batch/manager.go:115-130 | a run in which two batches overlap and a later metric settles first |
| BatchDrain.FullBuffersAreRetried | go-backend/shared/stripe-client/internal/batch/manager.go:115-212 | a buffer that has reached the batch size always has a live retry goroutine for its ID |
| BatchDrain.BatchSizesWithoutFailures | go-backend/shared/stripe-client/internal/batch/manager.go:115-135 | without failures buffers stay below the size, Add's batches have exactly the size and the loop's batches fewer |
| BatchDrain.AtMostFiveCallsPerFlush | go-backend/shared/stripe-client/internal/batch/manager.go:159-214 | a fresh flush and all retries descending from it call ProcessBatch at most five times |
| BatchDrain.StepKeepsRooted | go-backend/shared/stripe-client/internal/batch/manager.go:181-212 | every live call's attempt number is the number of calls its flush has caused, and no flush has two live goroutines |
| BatchDrain.StepDrains | go-backend/shared/stripe-client/internal/batch/manager.go:216-282 | after the final snapshot every step but Add strictly lowers a measure weighted by the attempts left |
| BatchDrain.StopDrains | go-backend/shared/stripe-client/internal/batch/manager.go:216-282 | after the final snapshot and without Add: runs are bounded, none gets stuck, and when the wait group is at zero all buffers are empty |
| BatchStop.StopSettlesEverything | go-backend/shared/stripe-client/internal/batch/manager.go:216-282 | for every run that ends with Stop's return, Adds allowed anywhere: what was accepted before the final snapshot is settled or in a handoff, a buffer holds only the last Adds of its ID, all accepted after it; everything is settled if and only if there is no handoff and no such left-over |
| BatchStop.StopSettlesWithoutLateAdds | go-backend/shared/stripe-client/internal/batch/manager.go:275-282 | without an Add after the final snapshot, everything accepted is settled if and only if no Add stands between its unlock and its goroutine |
| BatchStop.LateAddIsSafeExactly | go-backend/shared/stripe-client/internal/batch/manager.go:95-135 | an Add accepted after the final snapshot is settled by the time Stop returns, in every continuation without further Adds, if and only if it does not fill its buffer and a retry of its ID is due |
| BatchStop.LateAddIsStranded | go-backend/shared/stripe-client/internal/batch/manager.go:97-134 | for every batch size, a run in which an Add after the final snapshot is accepted and unsettled when Stop returns: left in its buffer or, if it fills it, in a handoff |
| BatchStop.StopCanMissAHandoff | go-backend/shared/stripe-client/internal/batch/manager.go:115-125 | a run in which Stop returns while a full batch is between Add's unlock and its goroutine |
| BatchAttempts.NoBoundPerMetric | go-backend/shared/stripe-client/internal/batch/manager.go:189-212 | for every batch size and every n, a run in which one metric has been part of n failed calls and is buffered again, neither acknowledged nor dead-lettered |
| BatchAttempts.FiveCallsExactly | go-backend/shared/stripe-client/internal/batch/manager.go:159-214 | every flush keeps its metric within five calls, even if all its calls fail, in exactly those runs in which no flush takes the metric when the calls behind it and the flush's own exceed five; then five is a bound in every state |
| BatchAttempts.TakenAndFailed | go-backend/shared/stripe-client/internal/batch/manager.go:138-214 | a flush that takes a metric and fails to the end adds exactly the calls its attempt number leaves |
| BatchAttempts.FifthFailureIsFinal | go-backend/shared/stripe-client/internal/batch/manager.go:181-187 | a batch that always fails is called exactly five times and then dead-lettered |
| BatchAttempts.FiveCallsWhenKeptApart | go-backend/shared/stripe-client/internal/batch/manager.go:115-268 | five calls per metric suffice if no size or timer flush of an ID starts while another flush of it or a retry is under way |
| BatchAttempts.RunKeepsLocated | go-backend/shared/stripe-client/internal/batch/manager.go:95-270 | a metric followed through a run is, by value, where the history says: in its buffer, in the snapshot, with that goroutine, or settled |
| BatchManager.Manager.Add | go-backend/shared/stripe-client/internal/batch/manager.go:95-135 | refused exactly when the context is done; otherwise the metric is appended, or the full buffer is taken out and handed to a fresh goroutine at attempt 1; other IDs untouched; a legal run |
| BatchManager.Manager.ProcessBatchWithRetry | go-backend/shared/stripe-client/internal/batch/manager.go:159-214 | settles on success, on the fifth attempt and after cancellation; otherwise the data is put back in front and a retry with the next attempt number is started; the error result says which |
| BatchManager.Manager.FlushOne | go-backend/shared/stripe-client/internal/batch/manager.go:138-153 | flushes what its ID has buffered, if anything; a legal run |
| BatchManager.Manager.TakeSnapshot | go-backend/shared/stripe-client/internal/batch/manager.go:246-259 | the whole buffer becomes the snapshot |
| BatchManager.Manager.FlushNext | go-backend/shared/stripe-client/internal/batch/manager.go:263-268 | one ID of the snapshot is processed at attempt 1; a failure puts exactly its metrics back |
| BatchManager.Manager.FlushAll | go-backend/shared/stripe-client/internal/batch/manager.go:245-270 | in any iteration order, afterwards exactly the metrics whose processing failed before cancellation are buffered again; a legal run |
| BatchManager.Manager.SignalStop | go-backend/shared/stripe-client/internal/batch/manager.go:275-279 | closes the done channel once; a second call changes nothing |
| UsageLedger.TotalIsBounded | go-backend/shared/stripe-client/metered_billing.go:91-127 | under any interleaving and faults the untruncated total stays between its initial value and that plus all accepted quantities, and is exact if and only if no accepted update was overtaken since its read; the stored total is its 64-bit truncation, the same number if and only if it fits |
| UsageLedger.AtMostOncePerKey | go-backend/shared/stripe-client/metered_billing.go:118-121 | whatever answers get lost, a key's quantity is applied at most once, and a reported success has been applied |
| UsageLedger.LostAnswerLooksLikeFailure | go-backend/shared/stripe-client/metered_billing.go:121-135 | a run in which an execution reports failure although its quantity is in the total |
| UsageLedger.SequentialTotalIsExact | go-backend/shared/stripe-client/metered_billing.go:91-127 | without overlap the total is the sum of everything accepted truncated to 64 bits, exact if and only if it fits |
| UsageLedger.WrapsAround | go-backend/shared/stripe-client/metered_billing.go:109 | the stored total is the signed 64-bit number that differs from the exact one by a multiple of two to the 64 |
| MeteredBilling.TotalQuantity | go-backend/shared/stripe-client/metered_billing.go:78-81 | the summing loop computes the batch's sum truncated to 64 bits |
| MeteredBilling.SubscriptionItem.Update | go-backend/shared/stripe-client/metered_billing.go:111-121 | the first accepted Update of a key takes effect, later ones replay its outcome; a lost answer reads as failure |
| MeteredBilling.Attempt | go-backend/shared/stripe-client/metered_billing.go:91-127 | one retrieve-add-update attempt adds the quantity if and only if the key's update is performed now, and says when it reports success |
| MeteredBilling.ExecuteProcessBatch | go-backend/shared/stripe-client/metered_billing.go:77-135 | every attempt's answer as the environment determines it; obeys what is proved of retry.Do; if attempt k is allowed, not forestalled by a cancellation and faultless, with no refusal on record, the execution succeeds by then; the batch is added at most once, exactly once on success |
| BilledTotal.TotalWithinAccepted | go-backend/shared/stripe-client/metered_billing.go:77-149 | with any overlaps, failures and re-flushes the untruncated total never exceeds initial plus accepted, except by quantities that landed and then reported failure; the stored total is its truncation |
| BilledTotal.TotalAtRest | go-backend/shared/stripe-client/metered_billing.go:77-149 | with no goroutine left the untruncated total is initial plus delivered plus ambiguous if and only if nothing was overtaken, otherwise less |
| BilledTotal.NoOverbilling | go-backend/shared/stripe-client/metered_billing.go:92-121 | while no execution gives up after its update landed, the total stays within initial plus accepted; at rest nothing is ambiguous if and only if none did, and with nothing overtaken the total is within initial plus delivered if and only if none did |
| BilledTotal.AnsweredMeansNoneGivenUp | go-backend/shared/stripe-client/metered_billing.go:121-135 | if answers to accepted updates arrive, no execution gives up after landing |
| BilledTwice.BillsTwice | go-backend/shared/stripe-client/internal/batch/manager.go:164-214 | a joint run in which one metric is accepted and delivered once and billed twice |
| LostUpdate.LosesAnUpdate | go-backend/shared/stripe-client/metered_billing.go:95-121 | a joint run in which two overlapping batches are accepted and acknowledged and only the second is in the total |
| BilledTotal.TotalWithoutOverlap | go-backend/shared/stripe-client/metered_billing.go:91-127 | if no two batches of the item are in flight together, the total at rest is exactly initial plus delivered plus ambiguous |
| BilledTotal.OnlyAKeyIsNeeded | go-backend/shared/stripe-client/internal/batch/manager.go:164-171 | in every reachable state an unused key is all a manager step needs that does not end an execution |
| BilledTotal.AnswerIsReached | go-backend/shared/stripe-client/metered_billing.go:129-148 | from every reachable state, request steps alone lead to an answer with which ProcessBatch returns |
| EndToEnd.BilledAfterShutdown | go-backend/services/usage-service/main.go:132-160 | from accepted events to the bill: after the shutdown accepted = acknowledged + dead-lettered + late, and the total is initial plus acknowledged plus ambiguous if and only if nothing was overtaken, otherwise less; ambiguous is zero if and only if no landed execution gave up |
| CircuitBreaker.NoAdmissionWithinReset | go-backend/shared/stripe-client/metered_billing.go:157-175 | with overlapping callers and stale completions no call is admitted from an opening until strictly more than the reset timeout later |
| CircuitBreaker.CounterIsFailureRun | go-backend/shared/stripe-client/metered_billing.go:183-214 | Closed: the counter is the current run of failures and below the limit; HalfOpen: zero; the breaker opens exactly at the failure completing a run, or at any failure while half open |
| CircuitBreaker.ClosesExactly | go-backend/shared/stripe-client/metered_billing.go:203-206 | a breaker that is not closed closes exactly at a success recorded while half open, with its counter at zero |
| CircuitBreaker.StaysClosedExactly | go-backend/shared/stripe-client/metered_billing.go:189-213 | from any reachable closed state it stays closed exactly until threshold failures in a row have been recorded, those counted before included |
| CircuitBreaker.RejectsExactly | go-backend/shared/stripe-client/metered_billing.go:157-175 | a caller is turned away exactly if nobody was admitted since the last opening and that is no more than the timeout ago |
| CircuitBreaker.SingleProbeExactly | go-backend/shared/stripe-client/metered_billing.go:157-175 | half open has at most one call out in exactly those runs in which nobody is admitted to a breaker that is not closed while a call is out |
| CircuitBreaker.HalfOpenAdmitsSeveral | go-backend/shared/stripe-client/metered_billing.go:157-175 | a run with two calls in flight while half open |
| CircuitBreaker.LoadOnDeadDownstream | go-backend/shared/stripe-client/metered_billing.go:152-200 | sequential callers against a dead downstream: at most the limit before the first opening and one execution per reset timeout after it |
| CircuitBreaker.AttemptsOnDeadDownstream | go-backend/shared/stripe-client/metered_billing.go:86-129 | the attempts made in such a run: at most the allowed number times the limit before the first opening, and the allowed number more per reset timeout after it |
| CircuitBreaker.Breaker.Admit | go-backend/shared/stripe-client/metered_billing.go:157-175 | admits unless open within the reset timeout; the new state is the step's |
| CircuitBreaker.Breaker.Record | go-backend/shared/stripe-client/metered_billing.go:180-214 | records the result against the mode of that moment; the new state is the step's |
| CircuitBreaker.Breaker.ProcessBatch | go-backend/shared/stripe-client/metered_billing.go:152-215 | executed exactly if disabled or admitted; a rejected batch leaves the item alone, an executed one runs the retry loop; the breaker records its answer and its attempts as a legal run |
| Retry.Do | go-backend/shared/stripe-client/internal/retry/retry.go:43-78 | at most MaxRetries + 1 calls, stops at the first success, succeeds if and only if the last call did; each early stop is a cancellation; waits follow the schedule and are orderly |
| Retry.ScheduleIsOrderly | go-backend/shared/stripe-client/internal/retry/retry.go:85-107 | without overflow and for every jitter, waits never shrink from attempt to attempt, never exceed the cap, and sum to at most their number times the cap |
| Retry.WaitIsExponential | go-backend/shared/stripe-client/internal/retry/retry.go:85-106 | the wait after attempt n is the base times two to the n plus the drawn share of half the base, cut off at the cap |
| Retry.CapHoldsIfBaseIsWithin | go-backend/shared/stripe-client/internal/retry/retry.go:97-106 | for every attempt, draw and overflow result the cap holds if and only if the base is within it |
| WorkerPool.PoolConserves | go-backend/services/usage-service/internal/worker/pool.go:60-148 | for any number of workers, accepted = queued + in process + processed + errored; first accepted is first taken; the queue never exceeds its capacity |
| WorkerPool.StopLosesExactlyTheLate | go-backend/services/usage-service/internal/worker/pool.go:60-144 | when Stop returns, the queue holds exactly the events accepted after the last worker had exited and Stats accounts for all others |
| WorkerPool.StopDrainsTheQueue | go-backend/services/usage-service/internal/worker/pool.go:67-81 | if nothing is submitted after the cancellation, Stop leaves an empty queue and Stats sums to the accepted count |
| WorkerPool.LateSubmitIsLost | go-backend/services/usage-service/internal/worker/pool.go:120-144 | a run in which an accepted event is never processed |
| WorkerPool.StopTerminates | go-backend/services/usage-service/internal/worker/pool.go:60-84 | after the cancellation every run without Submit is bounded and none gets stuck before all workers have exited |
| WorkerPool.Pool.Submit | go-backend/services/usage-service/internal/worker/pool.go:120-129 | never blocks: appends the event, or refuses it exactly when the queue is full |
| WorkerPool.Pool.ProcessEvent | go-backend/services/usage-service/internal/worker/pool.go:86-99 | the head of the queue is counted as processed or errored by ProcessUsage's answer; a legal run |
| WorkerPool.Pool.UsageWorker | go-backend/services/usage-service/internal/worker/pool.go:60-84 | a worker that sees the cancellation exits with an empty queue, everything queued processed in order; a legal run |
| WorkerPool.Pool.Stats | go-backend/services/usage-service/internal/worker/pool.go:146-148 | the counters are the numbers of processed and errored events |
| Pipeline.ShutdownSettlesEverything | go-backend/services/usage-service/main.go:132-160 | after the shutdown, per item: the queue holds only what came too late, buffers are empty, and every other accepted unit is in exactly one acknowledged or dead-lettered batch |
| Pipeline.ShutdownBalancesTotals | go-backend/services/usage-service/main.go:132-160 | the same in totals: accepted = acknowledged + dead-lettered + late |
| Pipeline.CleanShutdown | go-backend/services/usage-service/main.go:132-160 | if no request is handled after the cancellation, nothing is left behind anywhere |
| Pipeline.HandledExactly | go-backend/services/usage-service/internal/handlers/handlers.go:46-67 | a request is queued at the end exactly if it names both IDs, has a positive quantity, and there is room; nothing else changes |
| Pipeline.RejectedForTheFirst | go-backend/services/usage-service/internal/handlers/handlers.go:100-111 | an event is rejected for the first of the three things wrong with it, and accepted exactly if none is |
| Pipeline.TrackedExactly | go-backend/shared/stripe-client/metered_billing.go:301-332 | a worker hands a valid event on as one metric of its item with its quantity, or the call fails and the event is errored |
| ShutdownProgress.ShutdownCanFinish | go-backend/services/usage-service/main.go:132-160 | from every reachable state, whatever is queued, in flight or failing, main can still return without a further request |
| Pipeline.ManagerIsEmpty | go-backend/shared/stripe-client/metered_billing.go:370-394 | when the billing client's Stop has returned, the manager's metrics are all settled |
| TokenStore.SweepsAreInvisible | go-backend/services/gateway/internal/auth/refresh_token.go:63-132 | sweeps at times up to now, anywhere among the operations, change neither what FindByTokenHash can find nor what GetByID returns |
| TokenStore.CreatedIsFound | go-backend/services/gateway/internal/auth/refresh_token.go:54-82 | a created token is found by ID through its expiry and by hash before it, unless revoked |
| TokenStore.RevokedIsNeverFound | go-backend/services/gateway/internal/auth/refresh_token.go:97-104 | whatever operations follow a revocation, no lookup returns the token again |
| TokenStore.MarkOutlivesRetention | go-backend/services/gateway/internal/auth/refresh_token.go:91-132 | a consumed mark survives every sweep within the retention and is removed by the first later one |
| TokenStore.SweptExactly | go-backend/services/gateway/internal/auth/refresh_token.go:117-132 | a sweep removes exactly the tokens past their expiry and the marks older than fourteen days |
| TokenStore.RevokeAllIsPersonal | go-backend/services/gateway/internal/auth/refresh_token.go:106-115 | all tokens of the user are revoked, everybody else's stay as they were |
| TokenStore.InMemoryRefreshTokenStore.GetByID | go-backend/services/gateway/internal/auth/refresh_token.go:63-71 | the live record, where a token counts through its expiry instant |
| TokenStore.InMemoryRefreshTokenStore.FindByTokenHash | go-backend/services/gateway/internal/auth/refresh_token.go:73-82 | in any iteration order, finds a live token with the hash if and only if there is one |
| TokenStore.InMemoryRefreshTokenStore.RevokeAllForUser | go-backend/services/gateway/internal/auth/refresh_token.go:106-115 | the loop revokes exactly the user's tokens |
| TokenStore.InMemoryRefreshTokenStore.DeleteExpired | go-backend/services/gateway/internal/auth/refresh_token.go:117-132 | the loops remove exactly the expired tokens and the marks past the retention |
| RefreshTokens.ReplayRevokesUser | go-backend/services/gateway/internal/auth/refresh_handler.go:26-36 | with a lifetime within the retention, presenting a rotated or logged-out token up to its expiry revokes every token of its user, whatever sweeps ran in between |
| RefreshTokens.ReplayEndsAllSessions | go-backend/services/gateway/internal/auth/refresh_handler.go:26-51 | after such a replay, whatever follows, the user holds no usable token and is issued none until the next login |
| RefreshTokens.LockedOutLasts | go-backend/services/gateway/internal/auth/refresh_handler.go:38-51 | a user without usable tokens gets no further one until the next login |
| RefreshTokens.ReuseDetectionNeedsRetention | go-backend/services/gateway/internal/auth/refresh_token.go:37-39 | reuse detection works in all runs if and only if the lifetime is at most consumedRetention |
| RefreshTokens.ForgetfulRun | go-backend/services/gateway/internal/auth/refresh_token.go:125-129 | with a longer lifetime, login, rotation and a sweep leave a spent token whose mark is gone |
| RefreshTokens.ReplayGoesUnnoticed | go-backend/services/gateway/internal/auth/refresh_handler.go:30-42 | presenting it then changes nothing in the store |
| RefreshTokens.TokenFamilies | go-backend/services/gateway/internal/auth/refresh_handler.go:38-66 | in every run each login's chain has at most one usable token, the latest; its tokens keep user and roles (or the default role); no token is exchanged twice, even after its mark is purged |
| SpentTokens.SignOutSpends | go-backend/services/gateway/internal/auth/handlers.go:112-123 | in every reachable state: logout with a live token revokes it, marks its hash and touches nothing else; with any other hash it does nothing |
| SpentTokens.RefreshExchanges | go-backend/services/gateway/internal/auth/refresh_handler.go:30-66 | in every reachable state: refresh with a live token takes it out of use and adds exactly one new token with its user, its roles or the default, and the lifetime; with a consumed hash it revokes exactly its owner's tokens; otherwise it does nothing |
| SpentTokens.SpentForGood | go-backend/services/gateway/internal/auth/handlers.go:118-122 | over whole runs: after logout or refresh with a live token no refresh with its hash ever issues a token, and up to its expiry, within the retention, such a refresh locks its user out |
| AuthHandlers.RefreshHandler | go-backend/services/gateway/internal/auth/refresh_handler.go:13-74 | 400 without a token, 401 exactly for consumed or unknown tokens, 500 exactly if issuing fails after the old token is spent; otherwise the issued token, its fields and the store's two maps in full |
| AuthHandlers.FindByHashIncludingRevoked | go-backend/services/gateway/internal/auth/refresh_handler.go:78-89 | finds a token with the hash, revoked or not, if and only if there is one |
| AuthHandlers.RevokeStolen | go-backend/services/gateway/internal/auth/refresh_handler.go:30-33 | the owner of the consumed hash loses every session |
| AuthHandlers.SpendToken | go-backend/services/gateway/internal/auth/refresh_handler.go:38-51 | the live token with the hash, if any, is revoked and marked consumed |
| AuthHandlers.LoginHandler | go-backend/services/gateway/internal/auth/handlers.go:58-94 | a validated login stores one fresh token with its roles and lifetime; any failure leaves the store unchanged |
| AuthHandlers.LogoutHandler | go-backend/services/gateway/internal/auth/handlers.go:102-125 | always succeeds; a live token with the hash is revoked and marked, all else unchanged; without one the store is unchanged |
| UsageIndex.IndexAgreesWithLog | go-backend/services/usage-engine/main.go:71-113 | for events dated at most a day ahead, with prunes and key expiry anywhere, every field in the rolling window counts exactly the logged events, and is present if and only if there are some |
| UsageIndex.AgreementLasts | go-backend/services/usage-engine/main.go:66-81 | idle time and the expiry of the key hide nothing within the window |
| UsageIndex.VisibleIffTimely | go-backend/services/usage-engine/main.go:66-81 | without further traffic an event counts throughout its window if and only if it was dated at most a day ahead |
| UsageIndex.FieldIsItsHour | go-backend/services/usage-engine/main.go:74 | a field is the full hour its event lies in, with the event's zone |
| UsageIndex.SameField | go-backend/services/usage-engine/main.go:74-76 | two events share a field exactly if they lie in the same hour and are dated in the same zone |
| UsageIndex.AddedExactly | go-backend/services/usage-engine/main.go:72-82 | an add counts one more in its field, touches no other, and renews the eight days of the key |
| UsageIndex.PrunedExactly | go-backend/services/usage-engine/main.go:221-237 | a prune removes exactly the fields whose hour began more than eight days ago |
| UsageIndex.RedisUsageStore.Add | go-backend/services/usage-engine/main.go:72-82 | increments the field of the truncated hour and refreshes the expiry; keeps the agreement for timely events |
| UsageIndex.RedisUsageStore.PruneOldHours | go-backend/services/usage-engine/main.go:221-237 | in any iteration order removes exactly the fields before the cutoff; keeps the agreement |
| UsageIndex.RedisUsageStore.GetRollingAverage | go-backend/services/usage-engine/main.go:85-113 | in any iteration order: numerator = logged events whose full hour began in the last seven days, denominator = distinct hours, by zone, in which they lie |
| UsageIndex.DenominatorIsHours | go-backend/services/usage-engine/main.go:74-106 | the number of fields in the window is the number of distinct hours if and only if no two logged events of one hour came from different zones |
| UsageIndex.ZonesSplitAnHour | go-backend/services/usage-engine/main.go:74 | two zones make one hour count twice |
| ClientAddress.GetClientIP | go-backend/shared/middleware/ratelimit.go:148-183 | the scan returns, behind a trusted peer, the right-most untrusted non-empty hop if there is one; otherwise the fallbacks of each case |
| ClientAddress.TrimCuts | go-backend/shared/middleware/ratelimit.go:158 | trimming cuts off exactly the Unicode white space, listed character by character, at both ends |
| ClientAddress.ClientBehindProxy | go-backend/shared/middleware/ratelimit.go:154-165 | for a header of a client and a trusted proxy after a comma and a blank the address is the client |
| ClientAddress.Fallbacks | go-backend/shared/middleware/ratelimit.go:148-183 | no header gives the peer, an untrusted peer gives the peer, all hops trusted give the first, and without proxies the first hop counts |
| ClientAddress.PrefixIsIgnored | go-backend/shared/middleware/ratelimit.go:154-165 | prepending any comma-separated text to a header with an untrusted hop changes nothing |
| ClientAddress.PrefixIsBelieved | go-backend/shared/middleware/ratelimit.go:166-169 | if all hops are proxies or empty, a name put in front becomes the address |
| ClientAddress.FirstHopIsBelieved | go-backend/shared/middleware/ratelimit.go:175-180 | without configured proxies the name put in front becomes the address |
| ClientAddress.ForgeryProof | go-backend/shared/middleware/ratelimit.go:138-183 | no prefix changes the address if and only if proxies are configured and, from a trusted peer, the header names an untrusted hop |

## Left out

- MeteredBilling.ExecuteProcessBatch: runs alone with its item; overlapping executions are the step system of `UsageLedger.dfy`. It contains the loop of retry.Do, because a Dafny method cannot be passed as an argument, and is held to the same predicate `Retry.Obeys`.
- Retry.ScheduleIsOrderly: floating-point backoff arithmetic is modelled over the reals, without rounding.
- UsageIndex.RedisUsageStore.GetRollingAverage: the quotient is a real number; malformed fields and counters are left out because only this code writes them.
- AuthHandlers.RefreshHandler: is one request at a time; requests that interleave between their store calls are not modelled.
- WorkerPool.Pool.UsageWorker: is one worker after the cancellation without interference; many workers are the step system of `WorkerPool.dfy`.
- BatchManager.Manager.FlushAll: runs without Adds or retries between its iterations; those interleavings are the step system of `BatchProtocol.dfy`, where every theorem about runs allows them.
- CircuitBreaker.Breaker.ProcessBatch: likewise runs without other callers between its two critical sections.
- BatchAttempts.RunKeepsLocated: locates a metric by its value, since equal metrics are not told apart in the source either.
- BatchConservation.OrderPreserved: the condition is about the run, since whether two batches overlap depends on timers and answers.
- Rejections by an open circuit breaker appear in `BilledTotal.dfy` as executions that give up.
- The manager's flushLoop and main's shutdown are steps on values, since they block on timers, signals and channels.
- Timers (flush interval, retry delays, request timeouts) may fire at any time; only the breaker, the tokens and the rolling window read a clock.
- HTTP, JSON, routing, logging and metrics, and the Stripe, Redis and JWT libraries beyond the effects named above; HINCRBY and EXPIRE count as one step that does not fail.
- An unparseable stored total, which the code resets to zero; only this code writes the field.
- Cost estimates, usage summaries, success rates, configuration, the alert queue and the default timestamp of an event.
- Token IDs and hashes are numbers drawn fresh; SHA-256, random generation and access tokens are not modelled.
- The 64-bit statistics counters do not wrap in the model.
- Splitting the peer's address from its port, and the rate limiter's buckets and map.
