# Orders service: order saga, reliability layer, request metrics

This project models the parts of the orders service that keep its promises under
concurrency and failure, and proves those promises over every run:

- **The order saga.** `CreateOrder` over four tables, one SQL statement per atomic step,
  with any number of calls interleaved. An adversary picks the order of steps, the request
  of each call, the generated order and driver ids (which may collide), which statements
  fail, and which failures are retried. `OrderTables` holds the statements with the schema's
  constraints, `OrderSaga` the transition system, `OrderSagaInvariant` its inductive
  invariant, `OrderSagaTheorems`, `OrderSagaFaults`, `OrderSagaLog` and `OrderSagaLedger`
  the theorems. `OrderStores` and `OrderService` are the same code as objects that update
  fields, proved against the transition system with the retries that a policy makes
  (`OrderPolicy`), and `OrderRefinement` carries the theorems over to a call.
- **The reliability layer.** `TokenBucket`, `RateLimiter` and `LimiterSchedule` (the
  limiter), `CircuitBreaker` (with its lock released during the guarded call),
  `RetryPolicy` (with 64-bit delays), `ReliableClient` (their composition as an object),
  `ClientSystem` (any number of calls sharing one client, interleaved) and
  `ClientRefinement` (each of those calls is a call of the object).
- **The request metrics.** `Metrics`: spans, per-method counters and the snapshot, for any
  interleaving of the locked sections.

## Failure models

A statement may be fine, fail *cleanly* (nothing changed; this also covers a call stopped
by the limiter, the breaker or the context) or fail *ambiguously* (it took effect and an
error was reported). Every saga theorem is about executions with both kinds of failure,
except those that say otherwise. Conditions are stated over the executed actions: `Sent`
says that some attempt at a charge, an assignment or a refund got through to the database,
`First` is the fault of the first one that did, `LogLost` and `StatusLost` say that a log
or status write failed, and `NoAmbiguity` that all failures were clean. `LogTellsAll` and
`SettledBooks` need that no first attempt that got through was ambiguous; `CleanStatusMeans`,
`CleanLogTellsAll` and `CleanSettledBooks` are the forms for clean failures. Money
conservation needs none of these.

## Plausible claims that the code does not keep

- `failed` does not imply uncharged: `OrderSagaFaults.FailedYetCharged` builds such an
  execution for any request, and `StatusMeans` says exactly when a `failed` order is charged.
- A failed assignment is not always refunded: `OrderSagaFaults.NotCompensated` builds such an
  execution, and `CompensatedExactly` says exactly when it is refunded.
- At most one half-open trial is not kept: `CircuitBreaker.AnyNumberOfTrials` builds runs
  with as many as one likes, and `OneTrialUnlessStale` gives the exact count.
- `burst + floor(window / rate)` grants in a window is exceeded exactly when the width is
  not a whole number of periods: `TokenBucket.FloorBoundExactly`.
- The average latency in a snapshot can exceed the maximum:
  `Metrics.AverageWithinMaxExactly` says exactly when.

## Model

| member | source | states |
|---|---|---|
| `OrderTables.ProjectAppend` | internal/db/orders/saga_store.go:115-123 | A step row extends the log of its own order by one entry at the end and leaves every other order's log alone |
| `OrderTables.SagaOnce` | internal/db/orders/saga_store.go:34-42 | The unique key and the primary key: after an insert, any insert under the same key changes nothing and is a conflict, and another key for the order is an error |
| `OrderTables.PaymentOnce` | internal/db/orders/postgres_payment.go:57-68 | A charge inserts once: repeating it with any amount changes nothing and reports no row |
| `OrderTables.RefundOnce` | internal/db/orders/postgres_payment.go:78-89 | A refund takes effect once, on a payment that exists: repeating it with any amount changes nothing and reports no row |
| `OrderTables.AssignedOnce` | internal/db/orders/driver_store.go:47-58 | An assignment inserts once, for an order that exists: trying any other driver changes nothing and is a conflict |
| `OrderStores.SagaStore.Insert` | internal/db/orders/saga_store.go:64-78 | The INSERT of `Start`: a taken key adds nothing, a taken order id with a fresh key is an error, otherwise row and unique index grow together; what is reported under each kind of failure |
| `OrderStores.SagaStore.Find` | internal/db/orders/saga_store.go:80-102 | The SELECT of `Start`: the row under the key, the not-found error, and the conflict when user or amount differ |
| `OrderStores.SagaStore.UpdateStatus` | internal/db/orders/saga_store.go:105-113 | Only the status of that order changes; an unknown order changes nothing and is no error; the error reported under each kind of failure |
| `OrderStores.SagaStore.AddStep` | internal/db/orders/saga_store.go:116-123 | One row is appended, unless the order has no saga row, which is an error; the error reported under each kind of failure |
| `OrderStores.PostgresPaymentClient.Charge` | internal/db/orders/postgres_payment.go:52-71 | Succeeds exactly when it added the payment row; an existing row is never changed and is reported as already charged |
| `OrderStores.PostgresPaymentClient.MarkRefunded` | internal/db/orders/postgres_payment.go:73-89 | The guarded UPDATE: refunds only a charged, unrefunded row, and says whether it did |
| `OrderStores.PostgresPaymentClient.WhyNotRefunded` | internal/db/orders/postgres_payment.go:91-104 | Which error a refund of no row reports: already refunded, not charged, or the read's own |
| `OrderStores.PostgresDriverClient.Insert` | internal/db/orders/driver_store.go:42-58 | The INSERT of an assignment with its primary and foreign key |
| `OrderStores.PostgresDriverClient.Confirm` | internal/db/orders/driver_store.go:60-73 | After a conflict: success exactly when the recorded driver is the same one |
| `OrderSagaInvariant.AfterLogAt` | internal/orders/order.go:85-110 | Which statement follows each log entry: the attempted trace grows by that entry and knowledge of money and driver stays right |
| `OrderSagaInvariant.ChargeOwn` | internal/orders/order.go:85-90 | One charge attempt, with or without failure and retry, keeps the order's books: the payment row exists exactly if reported or hidden |
| `OrderSagaInvariant.AssignOwn` | internal/orders/order.go:93-94 | The same for an assignment attempt |
| `OrderSagaInvariant.RefundOwn` | internal/orders/order.go:96-105 | The same for a refund attempt |
| `OrderSagaInvariant.StepOwn` | internal/orders/order.go:63-111 | Every statement of the creating run keeps the full relation between its position and the saga row, payment, assignment and log of its order |
| `OrderSagaInvariant.BystanderStep` | internal/orders/order.go:71-83 | A run that has created nothing either creates a new order with a fresh key, or leaves all tables unchanged |
| `OrderSagaInvariant.CommitElsewhere` | internal/orders/order.go:63-111 | A statement of one order leaves every row of every other order unchanged |
| `OrderSagaInvariant.NextInv` | internal/orders/order.go:63-111 | The invariant is kept by every action of every run, under ambiguous failures |
| `OrderSagaTheorems.Reachable` | internal/orders/order.go:63-111 | The invariant holds after any list of actions from the empty database |
| `OrderSagaTheorems.RowsAreStable` | internal/db/orders/saga_store.go:64-113 | Across any further actions no saga row or key disappears, key, user and amount never change, and the status leaves `started` at most once |
| `OrderSagaTheorems.OneOrderPerKey` | internal/db/orders/saga_store.go:34-42 | In every interleaving, with colliding ids and ambiguous failures, a key has at most one order and at most one creating run |
| `OrderSagaTheorems.SuccessMeansFulfilled` | internal/orders/order.go:63-111 | A successful answer, to the creator or to a replay, means the saga row with that request, a full unrefunded payment, and the assignment to the chosen driver, even if the status write was lost |
| `OrderSagaTheorems.AnswersAgree` | internal/orders/order.go:71-83 | All successful answers to one key carry the same order id, for the same user and amount |
| `OrderSagaTheorems.OnlyCreatorsWrite` | internal/orders/order.go:71-83 | A run that did not create its order never changes a table and never moves money |
| `OrderSagaTheorems.EmptyKeyRefused` | internal/orders/order.go:63-66 | A request without an idempotency key is refused with that error and creates nothing |
| `OrderSagaTheorems.InsertAnswers` | internal/db/orders/saga_store.go:64-78 | In every reachable state, the INSERT of `Start` fails the run exactly if it reports an error or its key is fresh and its order id taken; otherwise the run goes on to the look-up, as the creator exactly if the key was fresh |
| `OrderSagaTheorems.LookupFails` | internal/db/orders/saga_store.go:89-94 | A look-up that reports an error ends the run with an error and no order id |
| `OrderSagaTheorems.ReplayAnswers` | internal/orders/order.go:71-83 | After a success, a replay interleaved with anything creates and changes nothing: same payload gives the same order (an error exactly if the status write was lost), another payload gives the conflict |
| `OrderSagaTheorems.LookupAnswers` | internal/orders/order.go:71-83 | A run that reaches the lookup of an order it did not create, in any state of that order, changes nothing and gets the conflict if and only if its payload differs, otherwise the order id with its status |
| `OrderSagaFaults.RowsFollowFaults` | internal/orders/order.go:85-110 | In every reachable state, an order is charged exactly if some charge attempt of its creating run got through, refunded (in full) exactly if some refund attempt did, and has that run's driver exactly if some assignment INSERT did |
| `OrderSagaFaults.AnswerFollowsFaults` | internal/orders/order.go:86-110 | The answer of a creating run: the charge is reported as failed exactly if the first charge attempt that got through was not fine, and the refund as done exactly if the first refund attempt that got through was |
| `OrderSagaFaults.StatusFollowsAnswer` | internal/orders/order.go:85-110 | The status is that of the answer, exactly unless the status write failed |
| `OrderSagaFaults.StatusMeans` | internal/orders/order.go:85-110 | What each status says about the faults met and, exactly, about payment, refund and driver, under any failures; in particular a `failed` order is uncharged if and only if no charge attempt got through |
| `OrderSagaFaults.CompensatedExactly` | internal/orders/order.go:94-106 | After a failed assignment the charge is refunded in full if and only if some refund attempt got through |
| `OrderSagaFaults.CleanStatusMeans` | internal/orders/order.go:85-110 | When failures are clean, `refunded` and `failed` exclude a driver, and `failed` leaves no payment or an unrefunded one |
| `OrderSagaFaults.FailedYetCharged` | internal/orders/order.go:86-90 | For every request with a key and an order id there is an execution that ends `failed` with the payment standing |
| `OrderSagaFaults.NotCompensated` | internal/orders/order.go:94-102 | For every request with a key and an order id there is an execution whose assignment fails and that ends `failed` with the payment unrefunded |
| `OrderSagaLog.LogIsATrace` | internal/orders/order.go:85-110 | The log of an order is always a subsequence of one of the four complete traces, and an order without a saga row has none |
| `OrderSagaLog.LogTellsAll` | internal/orders/order.go:85-110 | If no log write failed and no first attempt that got through was ambiguous, replaying a finished order's log gives its payment row, its assignment, and its status unless that write failed |
| `OrderSagaLog.CleanLogTellsAll` | internal/orders/order.go:85-110 | The same whenever failures are clean and log writes succeed |
| `OrderSagaLedger.AtMostOneChargeAndRefund` | internal/db/orders/postgres_payment.go:52-104 | Over a whole run an order sees nothing, one charge, or one charge and then one refund, of the amount in its saga row |
| `OrderSagaLedger.AtMostOneChargePerKey` | internal/orders/order.go:63-111 | Over a whole run at most one charge is ever committed to orders of one idempotency key |
| `OrderSagaLedger.NextLedger` | internal/db/orders/postgres_payment.go:52-104 | Each order's payment row always records exactly the movements committed for it |
| `OrderSagaLedger.MoneyIsConserved` | internal/db/orders/postgres_payment.go:52-104 | In every reachable state, everything charged less everything refunded is the sum over orders charged and not refunded |
| `OrderSagaLedger.SettledBooks` | internal/orders/order.go:85-110 | Once creating runs are finished, with no ambiguous first attempt and no failed log or status write, that sum is exactly the `succeeded` orders plus the `failed` ones whose log ends in a failed refund |
| `OrderSagaLedger.CleanSettledBooks` | internal/orders/order.go:85-110 | The same whenever failures are clean and log and status writes succeed |
| `OrderService.OrderService.Start` | internal/db/orders/saga_store.go:64-102 | The two statements of `Start` with every answer a replay or an error gets, as steps of the run |
| `OrderService.OrderService.TryCharge` | internal/orders/reliability.go:51-60 | One charge attempt: retried if and only if it failed, attempts are left, and its error is retryable |
| `OrderService.OrderService.TryAssign` | internal/orders/reliability.go:51-60 | The same for an assignment attempt, by its last statement; no earlier statement of it failed |
| `OrderService.OrderService.TryRefund` | internal/orders/reliability.go:51-60 | The same for a refund attempt |
| `OrderService.OrderService.Charge` | internal/orders/order.go:86 | The retried charge, one statement per attempt: every attempt but the last failed retryably, and the last one succeeded, or was the last of `max(1, attempts)`, or failed for good; it succeeds exactly if that last statement did not fail |
| `OrderService.OrderService.Assign` | internal/orders/order.go:94 | The retried assignment, each attempt an INSERT and after a conflict a SELECT: every attempt but the last failed retryably, and the last one succeeded, or was the last of `max(1, attempts)`, or failed for good; it succeeds exactly if that last statement did not fail |
| `OrderService.OrderService.Refund` | internal/orders/order.go:98 | The retried refund, each attempt an UPDATE and after an update of no row a SELECT: every attempt but the last failed retryably, and the last one succeeded, or was the last of `max(1, attempts)`, or failed for good; it succeeds exactly if that last statement did not fail |
| `OrderService.OrderService.Compensate` | internal/orders/order.go:94-106 | After a failed assignment: the log entries, the refund, and the terminal status, in order |
| `OrderService.OrderService.CreateOrder` | internal/orders/order.go:63-111 | The sequential program, with arbitrary disturbances between its statements, leaves the tables and gives the answer of one complete run of the transition system whose failed attempts are retried by the policy, in at most `9 + 5 * max(1, attempts)` statements; without a key it does nothing |
| `OrderPolicy.RetriedExactly` | internal/orders/reliability.go:51-60 | Along the whole call, a failed attempt is followed by another if and only if fewer than `attempts` have been begun in its client call and its error is retryable |
| `OrderPolicy.PathIsDecided` | internal/orders/order.go:63-111 | The states of a call are decided by its world: no retry is left open |
| `OrderPolicy.AnswerStays` | internal/orders/order.go:63-111 | A call that has answered keeps its answer |
| `OrderPolicy.PathIsAlone` | internal/orders/order.go:63-111 | A call retried by the policy is one run of the transition system |
| `OrderRefinement.CallIsARun` | internal/orders/order.go:63-111 | If the disturbances come from other runs, the call is a run inside the interleaved system, with the same tables and answer |
| `OrderRefinement.PathIsARun` | internal/orders/order.go:63-111 | In particular a call of `CreateOrder` under its retry policy is a run of the interleaved system |
| `OrderRefinement.CallerIsPromised` | internal/orders/order.go:63-111 | So a caller told of success, from any reachable database, has a fulfilled order |
| `TokenBucket.RefillGrid` | internal/orders/reliability.go:258-277 | After a refill `last <= now < last + rate`, tokens grow by at most the periods passed and stay under the cap, and `last` stays on the grid |
| `TokenBucket.RefillIsTicking` | internal/orders/reliability.go:258-277 | The division in `refill` equals adding one token at every tick |
| `TokenBucket.PollingDoesNotMatter` | internal/orders/reliability.go:258-277 | Refilling at any sorted list of readings equals refilling at the last one |
| `TokenBucket.PollStep` | internal/orders/reliability.go:231-242 | One locked section passes `k` grid points and gives out at most what they and the bucket held |
| `TokenBucket.GrantsSinceStart` | internal/orders/reliability.go:206-277 | From construction at `t0`, at most `burst + floor((t - t0) / rate)` grants by `t`, for any interleaving of waiters |
| `TokenBucket.SlidingWindow` | internal/orders/reliability.go:206-277 | In any window at most `burst + ceil((t - s) / rate)` grants, for any interleaving of waiters |
| `TokenBucket.WindowIsTight` | internal/orders/reliability.go:258-277 | For every rate, burst and width there is a run and a window that meet that bound exactly |
| `TokenBucket.FloorBoundExactly` | internal/orders/reliability.go:258-277 | The bound with the floor holds of all runs and windows of a width if and only if the width is a whole number of periods |
| `LimiterSchedule.ExactScheduleFromFull` | internal/orders/reliability.go:220-277 | With exact sleeps, the k-th back-to-back grant comes at `t0 + max(0, k - burst) * rate`, whichever waiter wins each round |
| `RateLimiter.RateLimiter.constructor` | internal/orders/reliability.go:205-217 | A new limiter starts with a full bucket at its construction time |
| `RateLimiter.RateLimiter.Refill` | internal/orders/reliability.go:258-277 | The in-place refill equals the function the lemmas are about |
| `RateLimiter.RateLimiter.TryTake` | internal/orders/reliability.go:234-244 | The locked section equals `Poll`, and the wait it computes is always positive |
| `RateLimiter.RateLimiter.Wait` | internal/orders/reliability.go:220-256 | The loop, with other waiters polling between rounds, equals its recursive specification in bucket, outcome and reported waits; a disabled limiter only looks at the context |
| `RateLimiter.WaitIsPositive` | internal/orders/reliability.go:243-248 | For any clock the remaining wait is positive, so the `continue` is never taken |
| `RateLimiter.WaitIsMinimal` | internal/orders/reliability.go:237-252 | A refused caller has to wait in `(0, rate]`, and a reading can be granted if and only if it is at least that much later |
| `RateLimiter.TurnReports` | internal/orders/reliability.go:231-255 | One turn reports no wait if it was cancelled or granted, and otherwise exactly one, in `(0, rate]`, after which and not before the next token can be granted |
| `RateLimiter.WaitsAreExact` | internal/orders/reliability.go:231-255 | Every wait that `Wait` reports belongs to the turn of that number, lies in `(0, rate]`, and ends exactly at the first reading at which a token could be granted |
| `RateLimiter.LoneCallerSleepsOnce` | internal/orders/reliability.go:231-255 | A sole caller whose sleep lasts at least the wait reported is granted after at most one sleep |
| `RateLimiter.WaitTakes` | internal/orders/reliability.go:231-255 | A `Wait` that succeeds takes exactly one token, and one that does not leaves the bucket as if it had only refilled it |
| `RateLimiter.SequentialWaits` | internal/orders/reliability.go:220-277 | The waits reported for `n` calls in sequence sum to `max(0, n - burst) * rate` |
| `CircuitBreaker.CircuitBreaker.constructor` | internal/orders/reliability.go:109-128 | Defaults: at least one failure, two seconds for a non-positive timeout, closed |
| `CircuitBreaker.CircuitBreaker.Admit` | internal/orders/reliability.go:136-155 | The first locked section equals `Enter` |
| `CircuitBreaker.CircuitBreaker.Settle` | internal/orders/reliability.go:159-184 | The second locked section equals `Exit` |
| `CircuitBreaker.CircuitBreaker.Execute` | internal/orders/reliability.go:131-185 | Both sections with any sections of other calls between them; a rejection changes nothing |
| `CircuitBreaker.TrialsInFlight` | internal/orders/reliability.go:131-185 | In every interleaving, trials in flight plus late trial exits equal one if half-open plus the stale exits that landed while half-open |
| `CircuitBreaker.OneTrialUnlessStale` | internal/orders/reliability.go:131-185 | Exactly when more than one trial is in flight, and never without a stale exit |
| `CircuitBreaker.AnyNumberOfTrials` | internal/orders/reliability.go:162-177 | For every threshold, timeout and `n` there is a run with `n` trials in flight |
| `CircuitBreaker.StateIsHistory` | internal/orders/reliability.go:131-185 | In every interleaving: not closed exactly when the trailing failures reach `maxFails`; the counter, the half-open flag and the time waited from are functions of the exits |
| `CircuitBreaker.RejectedExactly` | internal/orders/reliability.go:138-150 | For calls in sequence: rejected if and only if the streak is at least `maxFails` and the last admitted call started less than `resetAfter` ago |
| `CircuitBreaker.OutageBudget` | internal/orders/reliability.go:131-185 | From the opening call on, while admitted calls fail, at most one call per full `resetAfter` reaches the base |
| `CircuitBreaker.TotalOutage` | internal/orders/reliability.go:131-185 | If nothing succeeds, at most `maxFails + floor(elapsed / resetAfter)` calls reach the base |
| `RetryPolicy.ShiftIsMul` | internal/orders/reliability.go:62-65 | The 64-bit left shift is multiplication by a power of two, modulo 2^64 |
| `RetryPolicy.DefaultJitterBounds` | internal/orders/reliability.go:377-383 | The default jitter stays between half the delay and the delay, and is zero for none |
| `RetryPolicy.DefaultJitterReaches` | internal/orders/reliability.go:377-383 | The default jitter gives every value from half the delay to twice that half, and no other |
| `RetryPolicy.Do` | internal/orders/reliability.go:25-78 | The loop equals its recursive specification in result, calls and sleeps, and always returns from inside |
| `RetryPolicy.SucceedsExactly` | internal/orders/reliability.go:51-60 | `Do` returns nil if and only if some call within the attempts returned nil and every earlier one was retried; that call is the last |
| `RetryPolicy.AnswersExactly` | internal/orders/reliability.go:51-77 | Which error `Do` returns after how many calls: the context's before a call, a success, an error not retried or met at the last attempt, or that of a sleep cut short; otherwise it goes on |
| `RetryPolicy.DefaultSucceedsExactly` | internal/orders/reliability.go:38-60 | Under the default `ShouldRetry`, `Do` returns nil if and only if an attempt within `max(1, MaxAttempts)` succeeds and every one before it failed with a plain error |
| `RetryPolicy.DefaultStopsAt` | internal/orders/reliability.go:38-60 | Under it, an attempt reached that ends in cancellation, an exceeded deadline or an open circuit is the last, and its error is the answer |
| `RetryPolicy.DefaultGoesOn` | internal/orders/reliability.go:38-60 | Under it, a plain error before the last attempt is always followed by another call |
| `RetryPolicy.SleepsWithinCap` | internal/orders/reliability.go:62-75 | With a positive `MaxDelay` no sleep exceeds it, at any attempt, even where the shift wraps |
| `RetryPolicy.DefaultJitterShortens` | internal/orders/reliability.go:377-383 | The default jitter is one of those the backoff bounds are about |
| `RetryPolicy.BackoffTotal` | internal/orders/reliability.go:51-77 | If the longest delay, `BaseDelay * 2^(n-2)`, does not overflow, all sleeps of one `Do` sum to at most `BaseDelay * (2^(n-1) - 1)` |
| `RetryPolicy.CappedTotal` | internal/orders/reliability.go:51-77 | With a cap they sum to at most `(n - 1) * MaxDelay`, overflow or not |
| `RetryPolicy.SleepsExactly` | internal/orders/reliability.go:62-75 | The sleep after the i-th failure is the jitter of `BaseDelay * 2^(i-1)`, or of the cap if that is less |
| `RetryPolicy.DefaultSleeps` | internal/orders/reliability.go:62-75 | With the default jitter it lies between half of that and all of it |
| `RetryPolicy.BackoffExactly` | internal/orders/reliability.go:51-77 | Without a cap or a jitter, `n` attempts that all fail retryably sleep for exactly `BaseDelay * (2^(n-1) - 1)` |
| `RetryPolicy.DelayWraps` | internal/orders/reliability.go:62-70 | In general the doubled delay wraps at 64 bits before the cap applies, and a delay that is not positive is not doubled |
| `ReliableClient.ReliableClient.Attempt` | internal/orders/reliability.go:310-320 | One attempt: limiter, then breaker, then the base call, each optional, with other calls acting on both guards throughout; the error of each, and the tokens, calls and rejections it used |
| `ReliableClient.AttemptTakes` | internal/orders/reliability.go:310-320 | The tokens counted for an attempt are those missing from the bucket, against only looking |
| `ReliableClient.ReliableClient.TakeTurn` | internal/orders/reliability.go:309-322 | One turn of the retry loop around that attempt, including the sleep it asks for |
| `ReliableClient.ReliableClient.Do` | internal/orders/reliability.go:309-322 | The composition, with other calls acting between and during attempts, equals the retry loop's specification over the attempts, and leaves the guards and the tally those attempts leave |
| `ReliableClient.OneCall` | internal/orders/reliability.go:348-361 | One client call: with an active limiter tokens taken equal base calls plus rejections, without one none are; with the default policy at most `max(1, MaxAttempts)` base calls, and at most one rejection, which is the answer |
| `ReliableClient.DoAnswers` | internal/orders/reliability.go:309-322 | Under the default policy a client call answers nil if and only if an attempt it makes succeeds, and an attempt that ends in the context's errors or the breaker's is its last and its answer |
| `ClientSystem.TokensAreSpent` | internal/orders/reliability.go:309-322 | In every interleaving of calls every grant has paid for one base call or one rejection, or is held by a call about to enter the breaker, and the numbers add up |
| `ClientSystem.FinishedMeansSpent` | internal/orders/reliability.go:309-322 | Once all calls have finished, grants equal base calls plus rejections |
| `ClientSystem.CallsAreBounded` | internal/orders/reliability.go:25-78 | With the default policy, in every interleaving, each call makes at most `max(1, MaxAttempts)` base calls and meets at most one rejection, which ends it |
| `ClientSystem.BaseCallsInWindow` | internal/orders/reliability.go:220-256 | Base calls paid for by tokens granted in a window are at most `burst + ceil(width / rate)` |
| `ClientSystem.BaseCallsSinceStart` | internal/orders/reliability.go:220-256 | Base calls and rejections together are at most `burst + floor(elapsed / rate)` |
| `ClientSystem.RunLimiter` | internal/orders/reliability.go:220-256 | The shared limiter's grants are those of the sequence of polls, whichever calls made them |
| `ClientSystem.BreakerRefines` | internal/orders/reliability.go:131-185 | What the calls do to the shared breaker is a run of the breaker's own system |
| `ClientSystem.ClientBreakerFollowsHistory` | internal/orders/reliability.go:131-185 | So it is closed exactly when fewer than `maxFails` base calls failed in a row |
| `ClientRefinement.CallIsADo` | internal/orders/reliability.go:309-322 | In any interleaving, a finished call gave the answer, and used the tokens, base calls and rejections, that `Do` specifies for the turns it took among the others |
| `Metrics.Start` | internal/observability/metrics.go:69-82 | Begins one fresh span, open until it ends and with its own start time; without metrics the span is inert |
| `Metrics.CallSpan.End` | internal/observability/metrics.go:84-90 | Records one end with the elapsed time and closes the span; a span without metrics does nothing |
| `Metrics.Metrics.Finish` | internal/observability/metrics.go:155-172 | The in-place update of one method's counters equals one event of the history |
| `Metrics.Metrics.AddRateLimitWait` | internal/observability/metrics.go:92-100 | Only positive waits are counted and summed |
| `Metrics.Metrics.MarkShutdown` | internal/observability/metrics.go:174-182 | The last shutdown mark is the one shown |
| `Metrics.Metrics.TakeSnapshot` | internal/observability/metrics.go:102-144 | Exactly the methods that began or ended a span are shown, each by its own events: count, errors, in-flight, average, longest and latest latency; the totals are the sums of the entries shown and count the whole history; the waits reported are counted and summed |
| `Metrics.SummaryShows` | internal/observability/metrics.go:118-130 | An entry shows the number of ends, of failed ends and of starts not ended, the truncated total over the number of ends, and the truncated durations of the latest and the longest span |
| `Metrics.TotalIsShown` | internal/observability/metrics.go:131-133 | Adding up counters method by method is adding up the entries shown |
| `Metrics.LedgerKeys` | internal/observability/metrics.go:146-153 | A method has an entry exactly if it has begun or ended a span |
| `Metrics.LastShutdownIsLast` | internal/observability/metrics.go:136-141 | The lifecycle shown is that of the latest shutdown mark |
| `Metrics.TruncateTowardZero` | internal/observability/metrics.go:106-130 | Durations are truncated toward zero |
| `Metrics.CountersCount` | internal/observability/metrics.go:69-172 | For any history, even with spans ended twice: count, errors, in-flight and total time count the method's events, and errors never exceed count |
| `Metrics.InFlightIsOpenSpans` | internal/observability/metrics.go:69-172 | While each span ends at most once, in-flight equals the open spans and count plus open spans equals starts |
| `Metrics.TotalsCountEverything` | internal/observability/metrics.go:118-134 | Summing per-method counters counts every event once |
| `Metrics.MaxIsGreatest` | internal/observability/metrics.go:167-169 | No duration exceeds the recorded maximum |
| `Metrics.MaxIsReached` | internal/observability/metrics.go:167-169 | The recorded maximum is the duration of some ended span |
| `Metrics.LastIsLast` | internal/observability/metrics.go:170 | The last latency is that of the latest end |
| `Metrics.AverageBelowMaxPlusOne` | internal/observability/metrics.go:118-130 | Despite truncation the average shown is below the maximum shown plus one, and the last one shown is at most the maximum |
| `Metrics.AverageWithinMaxExactly` | internal/observability/metrics.go:118-130 | With `n` spans and maximum `m` the average shown is within the maximum shown, whatever the other durations, if and only if `n * (m mod 1ms) < 1ms` |
| `Metrics.AverageWithinMax` | internal/observability/metrics.go:118-130 | For `n` spans with maximum `m` the average is within the maximum shown whenever `n * (m mod 1ms) < 1ms` |
| `Metrics.AverageExceedsMax` | internal/observability/metrics.go:118-130 | Otherwise `n` spans of length `m` show an average above the maximum |

## Left out

- Postgres, gRPC, Redis, HTTP and the clock are not part of this model: SQL statements are atomic functions on tables held as maps, and clock readings, jitter noise, generated ids and failures are arbitrary inputs. The saga tables carry no timestamps, no `detail` text and no row deletion.
- Transactions and isolation: each statement of the code commits on its own, so one statement is one atomic step.
- `OrderService.OrderService.CreateOrder`: the reliable clients appear as a retry loop with an attempt limit in which each attempt's fate and retryability are inputs; limiter waits and breaker rejections are clean failures there and are modelled in full in `ReliableClient`.
- The transition system of the saga lets the adversary retry any number of times, which includes every retry policy.
- Amounts are reals: NaN and rounding of floating point are not modelled.
- `RateLimiter.RateLimiter.Wait`: tokens, clock readings and durations are unbounded integers; a script of rounds that ends while the caller still waits gives the outcome `Blocked`, and the branch for a non-positive wait, proved unreachable, is not written out.
- `RetryPolicy.Do`: the sleep function, the context and the closure are a script with one entry per attempt; the default `ShouldRetry` is modelled on four kinds of error instead of wrapped error chains. Only the backoff delay has 64-bit arithmetic.
- `RetryPolicy.BackoffTotal`: assumes a non-negative base delay, as with a negative one the formula is negative while the sleeps are not.
- `ReliableClient.ReliableClient.Do`: the sleeps it asks for are given turn by turn by `TakeTurn`, not returned. The others' breaker sections after this call's last one belong to no turn.
- `ClientSystem.TokensAreSpent`: models a client that has both a limiter and a breaker, with positive rate and burst where a bound or the refinement is stated; absent or disabled ones are in `ReliableClient`. The length of a backoff is not modelled there: a call may poll again at any time.
- `CircuitBreaker.CircuitBreaker.Execute`: the state counter `failures` is an unbounded integer, and a panic in the guarded call (which would leave the half-open slot taken) is not modelled.
- `Metrics.Metrics.TakeSnapshot`: the average is an exact fraction, the uptime is truncated from exact nanoseconds, and per-method statistics are map values where the code keeps pointers in the map.
- Nil receivers of the limiter, the breaker, the metrics and the span, other than a span without metrics and a client without limiter or breaker.
- Location ingest, rate limiting of incoming requests, configuration, wiring in `cmd/`, error-to-status mapping, generated protobuf code and scripts: forwarding and one-branch checks.
